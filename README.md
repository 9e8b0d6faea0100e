# NumberDescriptorBase, modelled in Dafny

This project models `NumberDescriptorBase`, the settings descriptor of the
PowerKPI visual that controls how numbers are formatted. The descriptor has
three jobs:

- It resolves the effective format string. The explicit `format` value comes
  first, then the column format, then the default format. JavaScript `||`
  truthiness decides which one wins, so an empty string falls through.
- It accepts a column format only when the value is truthy.
- When it is parsed, it derives a default format from the bound data type.
  `"%M/%d/yyyy"` is used for dates and `"#,0.00"` for numbers; any other type
  gets `undefined`. A date also fills in a `format` value that is `null` or
  `undefined`. The descriptor then hides `displayUnits`, `precision` and
  `format` from the formatting panel, depending on the type and on a policy
  flag fixed at construction.

The model is split into two files:

- `jsvalues.dfy` (module `JsValues`) models a JavaScript string slot as
  `JsStr = Null | Undef | Str(s)`. It defines truthiness, loose `== null`,
  the `||` operator, and `FirstTruthy`, an independent reference definition of
  a precedence list.
- `numberdescriptorbase.dfy` (module `NumberDescriptors`) holds two layers:
  - The pure layer has a `State` value, made of the three format slots and the
    three hidden flags. Each operation is a transition on it:
    `ColumnFormatSet`, `DefaultFormatApplied`, `PropertiesHidden` and
    `Parsed`. The folds `ParsedAll` and `ColumnFormatsSet` replay a sequence
    of calls, so lemmas can state what any sequence of calls does.
  - The class `NumberDescriptorBase` has the source's fields. Its methods
    update those fields in place. `SetColumnFormat`,
    `ApplyDefaultFormatByType`, `HidePropertiesByType` and `Parse` are each
    proved to move `Snapshot()` exactly as their transition says.
    `HideNumberProperties` and `HideFormatProperty` are proved to set their
    hidden flags and may change nothing else. `GetFormat` and `GetValueByKey` are
    read-only functions on the object.

An absent type argument (`Option.None`) stands for the TypeScript default
parameter, so it is treated as `NumberType`. Enumerability is modelled by three
explicit hidden flags. Hiding sets a flag and never clears one.

Two consequences of the code's truthiness tests are worth stating:

- The `undefined` written for other types does not block a later derivation.
  The guard at line 153 tests truthiness, and `undefined` is falsy, so a later
  number or date parse still derives its pattern (`ParsedAllFirstPatternWins`).
- `GetFormat` returns the default slot unchanged whenever the other two are
  falsy, and this includes an empty `format` value. The result is `null`
  exactly when the format value and the column format are falsy and the
  default is `null`.

## Model

| member | source | states |
|---|---|---|
| JsValues.FirstTruthy | src/settings/descriptors/numberDescriptorBase.ts:107 | If some candidate is truthy, the result is the candidate at the first truthy position. If none is truthy, the result is the fallback. This is the reference for the `\|\|` chain. |
| NumberDescriptors.NumberDescriptorBase.GetFormat | src/settings/descriptors/numberDescriptorBase.ts:106-108 | The format value wins if it is truthy. Otherwise the column format wins if it is truthy. Otherwise the default is returned as it stands. The result equals `FirstTruthy([formatValue, columnFormat], defaultFormat)`. It is `null` exactly when the first two are falsy and the default is `null`. |
| NumberDescriptors.NumberDescriptorBase.SetColumnFormat | src/settings/descriptors/numberDescriptorBase.ts:110-116 | A falsy argument changes nothing. A truthy argument replaces `columnFormat` and nothing else (the frame is `columnFormat` only). |
| NumberDescriptors.ColumnFormatSet | src/settings/descriptors/numberDescriptorBase.ts:110-116 | A falsy argument leaves the state exactly as it was, so it is not a clear. A truthy argument becomes the column format. No other slot or flag changes. |
| NumberDescriptors.ColumnFormatLastTruthyWins | src/settings/descriptors/numberDescriptorBase.ts:110-116 | After any sequence of calls, the column format is the last truthy argument. If every argument was falsy, it is the old column format. No other slot or flag changes. |
| NumberDescriptors.NumberDescriptorBase.GetValueByKey | src/settings/descriptors/numberDescriptorBase.ts:118-124 | The format key gives `GetFormat()`, not the raw format value. Every other key gives the stored field: the format slots, `displayUnits`, the precision and density widgets by name and value, the precision bounds 0 and 17, and the policy flag. A name that no field carries gives `undefined`. |
| NumberDescriptors.NumberDescriptorBase.HideNumberProperties | src/settings/descriptors/numberDescriptorBase.ts:129-140 | `displayUnits` and `precision` become hidden. Only these two flags may change. |
| NumberDescriptors.NumberDescriptorBase.HideFormatProperty | src/settings/descriptors/numberDescriptorBase.ts:142-150 | `format` becomes hidden. Only this flag may change. |
| NumberDescriptors.DefaultFormatApplied | src/settings/descriptors/numberDescriptorBase.ts:152-176 | Write-once: a truthy default leaves the state unchanged. A falsy default becomes the type's pattern, or `undefined` for other types. The format value changes exactly for a date from a falsy default when the value was null or undefined, and it then becomes the date pattern. Nothing else changes. |
| NumberDescriptors.NumberDescriptorBase.ApplyDefaultFormatByType | src/settings/descriptors/numberDescriptorBase.ts:152-176 | The object moves as `DefaultFormatApplied` says. A truthy default keeps both slots. After a date or number derivation with no truthy format value and no truthy column format, `GetFormat()` returns that type's pattern. |
| NumberDescriptors.ParsedAllWriteOnce | src/settings/descriptors/numberDescriptorBase.ts:152-155 | Once the default is truthy, no sequence of parses changes the default, format value or column format. |
| NumberDescriptors.ParsedAllFirstPatternWins | src/settings/descriptors/numberDescriptorBase.ts:152-175 | Take any sequence of parses that starts from a falsy default. The default ends as the pattern of the first number or date parse, even after other-typed parses. The format value is seeded only if that first parse is a date and the value was nullish. With no number or date parse, the default is `undefined` (or unchanged for no parse) and the format value is kept. |
| NumberDescriptors.PropertiesHidden | src/settings/descriptors/numberDescriptorBase.ts:181-191 | `displayUnits` and `precision` end hidden iff they already were, or the flag is set and the type is not a number. `format` ends hidden iff it already was, or the type is neither a number nor a date. The format slots are untouched. |
| NumberDescriptors.Parsed | src/settings/descriptors/numberDescriptorBase.ts:178-191 | The column format is kept. No hidden flag is cleared. With no type, no new field is hidden. A date never hides `format`, and it hides `displayUnits` and `precision` exactly under the policy flag. |
| NumberDescriptors.ParsedIdempotent | src/settings/descriptors/numberDescriptorBase.ts:178-191 | Parsing twice with the same type gives the state that parsing once gives. |
| NumberDescriptors.ParsedAllSameType | src/settings/descriptors/numberDescriptorBase.ts:178-191 | Any non-empty run of parses with one type gives the state that a single parse gives. |
| NumberDescriptors.ParsedAllHidden | src/settings/descriptors/numberDescriptorBase.ts:181-191 | After any sequence of parses, `displayUnits`/`precision` are hidden iff they were hidden before, or the flag is set and some parse had a non-number type. `format` is hidden iff it was hidden before, or some parse had a type other than number or date. |
| NumberDescriptors.NumberDescriptorBase.HidePropertiesByType | src/settings/descriptors/numberDescriptorBase.ts:178-192 | The object moves as `Parsed` says for the given (possibly absent) type. |
| NumberDescriptors.NumberDescriptorBase.Parse | src/settings/descriptors/numberDescriptorBase.ts:100-104 | The object moves as `Parsed` says. The column format and the stored `displayUnits`, precision and density values do not change. No hidden flag is cleared. |
| NumberDescriptors.NumberDescriptorBase.constructor | src/settings/descriptors/numberDescriptorBase.ts:47-98 | The policy flag is the argument, false by default. All three format slots are `null`. `displayUnits` is 0, precision is 0 and density is 100. Nothing is hidden. |

## Left out

- The base class `FontSizeDescriptor` and its viewport and font-size logic are not part of this model. `super.parse` and `super(viewport)` are left out as steps that do not touch this class's fields, and the constructor takes no viewport.
- The formatting widgets (`Slider`, `TextInput`, `NumUpDown`) are modelled only by their `value` slot (and, for `getValueByKey`, their name). Display names, placeholders and host registration are left out.
- The precision bounds 0..17 are kept only as the stored fields `minPrecision` and `maxPrecision`. They and the density maximum of 100 are validator metadata handed to the host UI, and this class never enforces them.
- `Object.defineProperty` and enumerability are modelled as three explicit hidden booleans. Property reflection and serialisation are not modelled.
- GetValueByKey: the reflective `this[key]` lookup is modelled as a closed enumeration of this class's own data fields (`format`, `defaultFormat`, `columnFormat`, `displayUnits`, `precision`, `density`, `minPrecision`, `maxPrecision`, `shouldNumericPropertiesBeHiddenByType`), plus one key for a name no field carries. Keys belonging to the base class and to methods are not modelled.
- `displayUnits` and the values of the precision and density inputs are JavaScript numbers. They are modelled as `int`. No behaviour is lost, because the class only stores and returns them and never computes with them.
- A `null` type argument (as opposed to an absent one) does not take the parameter default. It behaves like `OtherType`, and the model covers it through that case.
- Format strings are opaque tokens. No formatting is modelled.
